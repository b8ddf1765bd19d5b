/** When a paid job is charged, when it is turned away, and what its two kinds of commit do to
    the wallets. */
module JobCharges {
  import opened Wrappers
  import opened Ledger
  import opened MediaJobs
  import opened ChatBilling
  import opened Economy
  import opened Traces

  predicate IsJob(w: World, p: nat) {
    p < |w.procs| && w.procs[p].Making?
  }

  /** The committed balance does not cover the price. */
  predicate IsShort(db: Db, user: User, cost: int) {
    cost > 0 && (user !in db.wallets || db.wallets[user] < cost)
  }

  /** The event answers the reserve of job p: its commit went through, or the wallet was short
      at the debit, or the commit failed. */
  predicate Answers(w: World, e: Event, p: nat, charged: bool) {
    && e.Step? && e.p == p && IsJob(w, p) && e.je.part == Task
    && var j := w.procs[p].job;
       if charged then j.task.JobDebited? && e.je.env == Succeed
       else (j.task.JobStart? && IsShort(w.db, j.user, j.cost)) || (j.task.JobDebited? && e.je.env != Succeed)
  }

  predicate AnsweredAt(opening: map<User, int>, events: seq<Event>, maxAttempts: nat, p: nat, charged: bool, n: nat)
    requires n < |events|
  {
    Answers(RunFrom(Start(opening), events[..n], maxAttempts), events[n], p, charged)
  }

  ghost predicate Answered(opening: map<User, int>, events: seq<Event>, maxAttempts: nat, p: nat, charged: bool) {
    exists n: nat :: n < |events| && AnsweredAt(opening, events, maxAttempts, p, charged, n)
  }

  lemma {:induction false} AnsweredEarlier(opening: map<User, int>, events: seq<Event>, maxAttempts: nat, p: nat, charged: bool, n: nat)
    requires n < |events| - 1
    ensures AnsweredAt(opening, events[..|events| - 1], maxAttempts, p, charged, n) == AnsweredAt(opening, events, maxAttempts, p, charged, n)
  {
    assert events[..|events| - 1][..n] == events[..n];
  }

  lemma {:induction false} AnsweredGrows(opening: map<User, int>, events: seq<Event>, maxAttempts: nat, p: nat, charged: bool)
    requires events != []
    ensures Answered(opening, events, maxAttempts, p, charged)
       <==> Answered(opening, events[..|events| - 1], maxAttempts, p, charged)
            || AnsweredAt(opening, events, maxAttempts, p, charged, |events| - 1)
  {
    var last := |events| - 1;
    if Answered(opening, events, maxAttempts, p, charged) {
      var n: nat :| n < |events| && AnsweredAt(opening, events, maxAttempts, p, charged, n);
      if n < last {
        AnsweredEarlier(opening, events, maxAttempts, p, charged, n);
      }
    }
    if Answered(opening, events[..last], maxAttempts, p, charged) {
      var n: nat :| n < last && AnsweredAt(opening, events[..last], maxAttempts, p, charged, n);
      AnsweredEarlier(opening, events, maxAttempts, p, charged, n);
    }
  }

  /** Where a job is tells how its reserve was answered. */
  predicate ToldBy(j: Job, charged: bool) {
    if charged then Charged(j) else j.task.JobRejected?
  }

  predicate IsToldAt(w: World, p: nat, charged: bool, answered: bool) {
    if p < |w.procs| then w.procs[p].Making? ==> ToldBy(w.procs[p].job, charged) == answered else !answered
  }

  lemma {:induction false} PayStepAnswers(db: Db, p: nat, j: Job, e: JobEvent, maxAttempts: nat, charged: bool)
    requires Shaped(j) && TouchesWallet(PcOf(j, e.part))
    ensures ToldBy(JobStep(db, p, j, e, maxAttempts).1, charged)
       <==> || ToldBy(j, charged)
            || (e.part == Task
                && if charged then j.task.JobDebited? && e.env == Succeed
                   else (j.task.JobStart? && IsShort(db, j.user, j.cost)) || (j.task.JobDebited? && e.env != Succeed))
  {
  }

  lemma {:induction false} MoveAnswersNothing(j: Job, e: JobEvent, maxAttempts: nat, charged: bool)
    requires Shaped(j) && !TouchesWallet(PcOf(j, e.part))
    ensures ToldBy(JobMove(j, e.part, e.env, maxAttempts), charged) == ToldBy(j, charged)
  {
  }

  lemma {:induction false} OwnStepAnswers(w: World, e: Event, maxAttempts: nat, p: nat, charged: bool)
    requires e.Step? && e.p == p && IsJob(w, p) && Shaped(w.procs[p].job)
    ensures var j, j' := w.procs[p].job, JobStep(w.db, p, w.procs[p].job, e.je, maxAttempts).1;
            ToldBy(j', charged) <==> ToldBy(j, charged) || Answers(w, e, p, charged)
  {
    var j := w.procs[p].job;
    if TouchesWallet(PcOf(j, e.je.part)) {
      PayStepAnswers(w.db, p, j, e.je, maxAttempts, charged);
    } else {
      MoveAnswersNothing(j, e.je, maxAttempts, charged);
    }
  }

  lemma {:induction false} OthersAnswerNothing(w: World, e: Event, maxAttempts: nat, p: nat, charged: bool, answered: bool)
    requires IsToldAt(w, p, charged, answered) && !(e.Step? && e.p == p)
    ensures IsToldAt(Next(w, e, maxAttempts), p, charged, answered) && !Answers(w, e, p, charged)
  {
  }

  lemma {:induction false} NextAnswers(w: World, opening: map<User, int>, e: Event, maxAttempts: nat, p: nat, charged: bool, answered: bool)
    requires Inv(w, opening, maxAttempts) && IsToldAt(w, p, charged, answered)
    ensures IsToldAt(Next(w, e, maxAttempts), p, charged, answered || Answers(w, e, p, charged))
  {
    if !(e.Step? && e.p == p) {
      OthersAnswerNothing(w, e, maxAttempts, p, charged, answered);
    } else if IsJob(w, p) {
      assert ProcOk(w.db, p, w.procs[p], maxAttempts);
      OwnStepAnswers(w, e, maxAttempts, p, charged);
    }
  }

  lemma {:induction false} RunAnswers(opening: map<User, int>, events: seq<Event>, maxAttempts: nat, p: nat, charged: bool)
    requires maxAttempts > 0
    ensures IsToldAt(RunFrom(Start(opening), events, maxAttempts), p, charged, Answered(opening, events, maxAttempts, p, charged))
  {
    if events != [] {
      var n := |events| - 1;
      RunAnswers(opening, events[..n], maxAttempts, p, charged);
      EveryRunIsSafe(opening, events[..n], maxAttempts);
      LastStep(Start(opening), events, maxAttempts);
      AnsweredGrows(opening, events, maxAttempts, p, charged);
      NextAnswers(RunFrom(Start(opening), events[..n], maxAttempts), opening, events[n], maxAttempts, p, charged,
                  Answered(opening, events[..n], maxAttempts, p, charged));
    }
  }

  /** Over every run a job is charged exactly when the commit of its reserve went through, and
      turned away exactly when the committed balance did not cover its price at the debit, or
      that commit failed. */
  lemma {:induction false} JobsAreChargedExactly(opening: map<User, int>, events: seq<Event>, maxAttempts: nat, p: nat)
    requires maxAttempts > 0
    requires IsJob(RunFrom(Start(opening), events, maxAttempts), p)
    ensures var j := RunFrom(Start(opening), events, maxAttempts).procs[p].job;
            && (Charged(j) <==> Answered(opening, events, maxAttempts, p, true))
            && (j.task == JobRejected <==> Answered(opening, events, maxAttempts, p, false))
  {
    RunAnswers(opening, events, maxAttempts, p, true);
    RunAnswers(opening, events, maxAttempts, p, false);
  }

  // --- what the commits do ----------------------------------------------

  /** The user's balance moves by the amount, and nobody else's. */
  ghost predicate Moves(db: Db, db': Db, user: User, amount: int) {
    forall u :: Balance(db', u) == Balance(db, u) + if u == user then amount else 0
  }

  /** The commit of a reserve takes exactly the price, from a balance that covers it. */
  lemma {:induction false} ReserveTakesThePrice(w: World, opening: map<User, int>, e: Event, maxAttempts: nat, p: nat)
    requires Inv(w, opening, maxAttempts) && Answers(w, e, p, true)
    ensures var j, w' := w.procs[p].job, Next(w, e, maxAttempts);
            && Moves(w.db, w'.db, j.user, 0 - Granted(j.cost))
            && (j.cost > 0 ==> Balance(w'.db, j.user) >= 0)
            && w'.procs[p].Making? && w'.procs[p].job.task == JobReserved
  {
    var s := SidOf(p, Task);
    assert ProcOk(w.db, p, w.procs[p], maxAttempts);
    assert TxOk(w.db, s, w.db.open[s]);
  }

  /** The commit of a refund gives exactly the price back. */
  lemma {:induction false} RefundGivesThePriceBack(w: World, opening: map<User, int>, e: Event, maxAttempts: nat, p: nat)
    requires Inv(w, opening, maxAttempts) && e.Step? && e.p == p && IsJob(w, p)
    requires PcOf(w.procs[p].job, e.je.part).JobRefunding? && e.je.env == Succeed
    ensures var j, w' := w.procs[p].job, Next(w, e, maxAttempts);
            && Moves(w.db, w'.db, j.user, Granted(j.cost))
            && w'.procs[p] == Making(WithPc(j, e.je.part, JobRefunded))
  {
    var s := SidOf(p, e.je.part);
    assert ProcOk(w.db, p, w.procs[p], maxAttempts);
    assert w.db.open[s] == Tx(Some(RefundPosting(p, w.procs[p].job)), None, None);
  }
}
