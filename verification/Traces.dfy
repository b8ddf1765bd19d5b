/** Looking back at a run: what the steps of one process met on the way. */
module Traces {
  import opened Wrappers
  import opened Affordability
  import opened Ledger
  import opened Payments
  import opened MediaJobs
  import opened ChatBilling
  import opened Economy

  lemma {:induction false} RunsCompose(w: World, before: seq<Event>, after: seq<Event>, maxAttempts: nat)
    ensures RunFrom(w, before + after, maxAttempts) == RunFrom(RunFrom(w, before, maxAttempts), after, maxAttempts)
    decreases |before|
  {
    if before == [] {
      assert before + after == after;
    } else {
      RunsCompose(Next(w, before[0], maxAttempts), before[1..], after, maxAttempts);
      assert (before + after)[1..] == before[1..] + after && (before + after)[0] == before[0];
    }
  }

  lemma {:induction false} RunOfOne(w: World, e: Event, maxAttempts: nat)
    ensures RunFrom(w, [e], maxAttempts) == Next(w, e, maxAttempts)
  {
    var w' := Next(w, e, maxAttempts);
    assert [e][1..] == [] && RunFrom(w', [], maxAttempts) == w';
  }

  lemma {:induction false} LastStep(w: World, events: seq<Event>, maxAttempts: nat)
    requires events != []
    ensures RunFrom(w, events, maxAttempts)
         == Next(RunFrom(w, events[..|events| - 1], maxAttempts), events[|events| - 1], maxAttempts)
  {
    var n := |events| - 1;
    assert events == events[..n] + [events[n]];
    RunsCompose(w, events[..n], [events[n]], maxAttempts);
    RunOfOne(RunFrom(w, events[..n], maxAttempts), events[n], maxAttempts);
  }

  // --- sights -----------------------------------------------------------

  /** What the steps of one process can meet on their way.

      Crashed: the request died before its end. RowStored, RowRefused: a checkout's row was
      committed, or its reference was there already.

      RowMissing: a paid delivery's first select found no row. PendingTaken: a delivery took
      a row that was not completed, or rebuilt one. CreditCommitted: its commit went through.

      OrderMissing, OtherOwner, AlreadyCompleted, PaymentTaken: a verification met no such
      order, somebody else's, a completed one, a payment id that another order carries.
      PaymentCommitted: its commit went through.

      LateFault: a task failed after its asset was stored. HandoverFault: an avatar task
      failed after its first poll was queued. Lost: this part of a job ended before its
      successor was queued or its refund committed, because an enqueue or the refund failed
      or the worker was killed. RefundCommitted: its refund's transaction committed. Stores:
      the asset was stored. TaskFails: an exception in the task. RenderError: a poll met a
      DIDError. PollsUsedUp: the last poll that the limit allows was not conclusive.

      NoCredits, TooExpensive, GivenUp: what ends a turn before it streams. TurnFinished: its
      slots had all closed. ReplyCommitted: the transaction of this slot's reply committed.
      ReplyLost: its debit was refused, or its transaction failed. SlotSilent: the slot had no
      reply to store. */
  datatype Sight =
    | Crashed
    | RowStored | RowRefused
    | RowMissing | PendingTaken | CreditCommitted
    | OrderMissing | OtherOwner | AlreadyCompleted | PaymentTaken | PaymentCommitted
    | LateFault | HandoverFault | Lost(part: Part) | RefundCommitted(part: Part) | Stores
    | TaskFails | RenderError | PollsUsedUp
    | NoCredits | TooExpensive | GivenUp | TurnFinished
    | ReplyCommitted(slot: nat) | ReplyLost(slot: nat) | SlotSilent(slot: nat)

  predicate CheckoutShows(db: Db, c: Checkout, sight: Sight) {
    match sight
    case RowStored => c.pc.CheckoutInserted?
    case RowRefused => c.pc.CheckoutStart? && c.ref in db.rows
    case _ => false
  }

  predicate IsPending(rows: map<Ref, Row>, ref: Ref) {
    ref in rows && !rows[ref].completed
  }

  predicate DeliveryShows(db: Db, s: Sid, d: Delivery, sight: Sight) {
    var ref := Stripe(d.session);
    match sight
    case RowMissing => d.pc.DeliveryStart? && d.paid && ref !in db.rows
    case PendingTaken =>
      && RowFree(db.open, s, ref)
      && ((((d.pc.DeliveryStart? && d.paid) || d.pc.DeliveryRetry?) && IsPending(db.rows, ref))
          || (d.pc.DeliveryMissing? && d.metadata.Some? && ref !in db.rows))
    case CreditCommitted => d.pc.DeliveryCredited?
    case _ => false
  }

  predicate VerifyShows(db: Db, v: Verify, sight: Sight) {
    var ref := Order(v.order);
    match sight
    case OrderMissing => v.pc.VerifyStart? && ref !in db.rows
    case OtherOwner => v.pc.VerifyLocked? && ref in db.rows && db.rows[ref].user != v.caller
    case AlreadyCompleted => v.pc.VerifyLocked? && ref in db.rows && db.rows[ref].user == v.caller && db.rows[ref].completed
    case PaymentTaken => v.pc.VerifyCredited? && exists r :: r in db.rows && r != ref && db.rows[r].payment == Some(v.payment)
    case PaymentCommitted => v.pc.VerifyFlushed?
    case _ => false
  }

  /** The answers that end a part of a job with nothing to follow. */
  predicate Loses(pc: JobPc, env: Env) {
    match pc
    case JobReserved => env != Succeed
    case JobRescheduling(_) => env != Succeed
    case JobRefundDue => env != Succeed
    case JobRefunding => env != Succeed
    case JobQueued => env == Killed
    case JobSubmitted => env == Killed
    case JobPolling(_) => env == Killed
    case JobFailing => env == Killed
    case _ => false
  }

  /** An exception in the code of a task or a poll. */
  predicate Raises(env: Env) {
    env != Succeed && env != Killed
  }

  /** The asset of a task, or the video of a poll, is stored. */
  predicate StoresAsset(j: Job, e: JobEvent) {
    && e.env == Succeed
    && (if e.part == Task then j.task.JobQueued? && !j.avatar else j.poller.JobPolling? && j.video.Some?)
  }

  /** A poll that says neither that the render is there nor that it has failed, or one that
      fails after it has stored it. */
  predicate Inconclusive(j: Job, env: Env) {
    || (j.poller.JobPolling? && (env == StillRendering || env == Fail || (env == Succeed && j.video.None?)))
    || (j.poller.JobStored? && Raises(env))
  }

  /** Polls run when this step is over. */
  function PollsBy(j: Job): nat {
    if j.poller.JobPolling? then j.polls + 1 else j.polls
  }

  predicate JobShows(j: Job, e: JobEvent, maxAttempts: nat, sight: Sight) {
    var pc := PcOf(j, e.part);
    match sight
    case LateFault => pc.JobStored? && Raises(e.env)
    case HandoverFault => pc.JobHandingOver? && Raises(e.env)
    case Lost(part) => part == e.part && Loses(pc, e.env)
    case RefundCommitted(part) => part == e.part && pc.JobRefunding? && e.env == Succeed
    case Stores => StoresAsset(j, e)
    case TaskFails =>
      && e.part == Task
      && ((Raises(e.env) && (pc.JobQueued? || pc.JobSubmitted? || pc.JobHandingOver? || pc.JobStored?))
          || (pc.JobQueued? && e.env == Succeed && j.avatar && j.video.None?))
    case RenderError => e.part == Poller && pc.JobPolling? && e.env == DidError
    case PollsUsedUp => e.part == Poller && Inconclusive(j, e.env) && PollsBy(j) == maxAttempts
    case _ => false
  }

  predicate TurnShows(db: Db, p: nat, t: Turn, ev: TurnEvent, sight: Sight) {
    match sight
    case NoCredits => ev.Look? && t.pc.TurnStart? && Balance(db, t.user) <= 0
    case TooExpensive => ev.Plan? && t.pc.TurnChecked? && ev.requests != [] && PlanTurn(ev.requests, t.pc.balance, ev.effort).Refused?
    case GivenUp => ev.GiveUp? && (t.pc.TurnStart? || t.pc.TurnChecked?)
    case TurnFinished => ev.Finish? && t.pc.TurnRunning? && forall i :: 0 <= i < |t.pc.slots| ==> t.pc.slots[i].pc.Closed?
    case ReplyCommitted(i) => ev == CommitSlot(i) && SlotIs(t, i, Charging)
    case ReplyLost(i) =>
      || (ev.Drop? && ev.slot == i && SlotIs(t, i, Charging))
      || (ev.Charge? && ev.slot == i && SlotIs(t, i, Streaming) && ReplyStmt(db, Sid(p, i), ReplyOf(p, t, i, ev.use, ev.served)).Refused?)
    case SlotSilent(i) => ev == Quiet(i) && SlotIs(t, i, Streaming)
    case _ => false
  }

  predicate Shows(db: Db, p: nat, proc: Proc, je: JobEvent, ev: TurnEvent, maxAttempts: nat, sight: Sight) {
    match proc
    case Buying(c) => CheckoutShows(db, c, sight)
    case Delivering(d) => DeliveryShows(db, Sid(p, 0), d, sight)
    case Verifying(v) => VerifyShows(db, v, sight)
    case Making(j) => JobShows(j, je, maxAttempts, sight)
    case Chatting(t) => TurnShows(db, p, t, ev, sight)
  }

  /** The event is a step of process p, or kills it, and shows the sight. */
  predicate EventShows(w: World, e: Event, maxAttempts: nat, p: nat, sight: Sight) {
    && p < |w.procs|
    && match e
       case Step(q, je, ev) => q == p && Shows(w.db, p, w.procs[p], je, ev, maxAttempts, sight)
       case Crash(q) => q == p && sight.Crashed? && Interrupted(w.procs[p])
       case _ => false
  }

  predicate SeenAt(opening: map<User, int>, events: seq<Event>, maxAttempts: nat, p: nat, sight: Sight, n: nat)
    requires n < |events|
  {
    EventShows(RunFrom(Start(opening), events[..n], maxAttempts), events[n], maxAttempts, p, sight)
  }

  /** Somewhere in the run process p met it. */
  ghost predicate Seen(opening: map<User, int>, events: seq<Event>, maxAttempts: nat, p: nat, sight: Sight) {
    exists n: nat :: n < |events| && SeenAt(opening, events, maxAttempts, p, sight, n)
  }

  lemma {:induction false} SeenEarlier(opening: map<User, int>, events: seq<Event>, maxAttempts: nat, p: nat, sight: Sight, n: nat)
    requires n < |events| - 1
    ensures SeenAt(opening, events[..|events| - 1], maxAttempts, p, sight, n) == SeenAt(opening, events, maxAttempts, p, sight, n)
  {
    assert events[..|events| - 1][..n] == events[..n];
  }

  lemma {:induction false} SeenGrows(opening: map<User, int>, events: seq<Event>, maxAttempts: nat, p: nat, sight: Sight)
    requires events != []
    ensures var n := |events| - 1;
            Seen(opening, events, maxAttempts, p, sight)
            <==> Seen(opening, events[..n], maxAttempts, p, sight)
                 || EventShows(RunFrom(Start(opening), events[..n], maxAttempts), events[n], maxAttempts, p, sight)
  {
    var last := |events| - 1;
    if Seen(opening, events, maxAttempts, p, sight) {
      var n: nat :| n < |events| && SeenAt(opening, events, maxAttempts, p, sight, n);
      if n < last {
        SeenEarlier(opening, events, maxAttempts, p, sight, n);
        assert SeenAt(opening, events[..last], maxAttempts, p, sight, n);
      }
    }
    SeenStays(opening, events, maxAttempts, p, sight);
    SeenLast(opening, events, maxAttempts, p, sight);
  }

  lemma {:induction false} SeenLast(opening: map<User, int>, events: seq<Event>, maxAttempts: nat, p: nat, sight: Sight)
    requires events != []
    ensures var n := |events| - 1;
            SeenAt(opening, events, maxAttempts, p, sight, n)
            == EventShows(RunFrom(Start(opening), events[..n], maxAttempts), events[n], maxAttempts, p, sight)
  {
  }

  lemma {:induction false} SeenStays(opening: map<User, int>, events: seq<Event>, maxAttempts: nat, p: nat, sight: Sight)
    requires events != []
    ensures var n := |events| - 1;
            Seen(opening, events[..n], maxAttempts, p, sight) || SeenAt(opening, events, maxAttempts, p, sight, n)
            ==> Seen(opening, events, maxAttempts, p, sight)
  {
    var last := |events| - 1;
    if Seen(opening, events[..last], maxAttempts, p, sight) {
      var n: nat :| n < last && SeenAt(opening, events[..last], maxAttempts, p, sight, n);
      SeenEarlier(opening, events, maxAttempts, p, sight, n);
      assert SeenAt(opening, events, maxAttempts, p, sight, n);
    }
  }

  // --- what a process remembers of them ---------------------------------

  /** The sights that the state of a process of this kind tells. */
  predicate Tells(proc: Proc, sight: Sight) {
    match proc
    case Buying(_) => sight.RowStored?
    case Delivering(_) => sight.Crashed?
    case Verifying(_) =>
      || sight.Crashed? || sight.OrderMissing? || sight.OtherOwner? || sight.AlreadyCompleted?
      || sight.PaymentTaken? || sight.PaymentCommitted?
    case Making(_) => sight.LateFault? || sight.HandoverFault? || sight.Lost? || sight.RefundCommitted? || sight.Stores?
    case Chatting(_) => false
  }

  predicate VerifyRemembers(v: Verify, sight: Sight) {
    && v.pc.VerifyEnded?
    && match v.pc.status
       case NotFound => sight.OrderMissing?
       case Forbidden => sight.OtherOwner?
       case AlreadyProcessed => sight.AlreadyCompleted?
       case Conflict => sight.PaymentTaken?
       case Success => sight.PaymentCommitted?
       case Failed => sight.Crashed?
  }

  predicate JobRemembers(j: Job, sight: Sight) {
    match sight
    case LateFault => j.lateFault
    case HandoverFault => HandoverFailed(j)
    case Lost(part) => PcOf(j, part).JobStranded?
    case RefundCommitted(part) => PcOf(j, part).JobRefunded?
    case Stores => j.delivered
    case _ => false
  }

  predicate Remembers(proc: Proc, sight: Sight) {
    match proc
    case Buying(c) => c.pc.CheckoutDone?
    case Delivering(d) => d.pc.DeliveryDropped?
    case Verifying(v) => VerifyRemembers(v, sight)
    case Making(j) => JobRemembers(j, sight)
    case Chatting(_) => false
  }

  lemma {:induction false} PayStepTells(db: Db, p: nat, j: Job, e: JobEvent, maxAttempts: nat, sight: Sight)
    requires Shaped(j) && TouchesWallet(PcOf(j, e.part)) && Tells(Making(j), sight)
    ensures JobRemembers(JobPayStep(db, p, j, e.part, e.env).1, sight) <==> JobRemembers(j, sight) || JobShows(j, e, maxAttempts, sight)
  {
    if PcOf(j, e.part).JobStart? || PcOf(j, e.part).JobRefundDue? {
      OpeningTells(db, p, j, e, maxAttempts, sight);
    } else {
      ClosingTells(db, p, j, e, maxAttempts, sight);
    }
  }

  lemma {:induction false} OpeningTells(db: Db, p: nat, j: Job, e: JobEvent, maxAttempts: nat, sight: Sight)
    requires Shaped(j) && (PcOf(j, e.part).JobStart? || PcOf(j, e.part).JobRefundDue?) && Tells(Making(j), sight)
    ensures JobRemembers(JobPayStep(db, p, j, e.part, e.env).1, sight) <==> JobRemembers(j, sight) || JobShows(j, e, maxAttempts, sight)
  {
  }

  lemma {:induction false} ClosingTells(db: Db, p: nat, j: Job, e: JobEvent, maxAttempts: nat, sight: Sight)
    requires Shaped(j) && (PcOf(j, e.part).JobDebited? || PcOf(j, e.part).JobRefunding?) && Tells(Making(j), sight)
    ensures JobRemembers(JobPayStep(db, p, j, e.part, e.env).1, sight) <==> JobRemembers(j, sight) || JobShows(j, e, maxAttempts, sight)
  {
  }

  lemma {:induction false} TaskMoveTells(j: Job, env: Env, maxAttempts: nat, sight: Sight)
    requires Shaped(j) && !TouchesWallet(j.task) && Tells(Making(j), sight)
    ensures JobRemembers(TaskMove(j, env), sight) <==> JobRemembers(j, sight) || JobShows(j, JobEvent(Task, env), maxAttempts, sight)
  {
  }

  lemma {:induction false} PollerMoveTells(j: Job, env: Env, maxAttempts: nat, sight: Sight)
    requires Shaped(j) && !TouchesWallet(j.poller) && Tells(Making(j), sight)
    ensures JobRemembers(PollerMove(j, env, maxAttempts), sight) <==> JobRemembers(j, sight) || JobShows(j, JobEvent(Poller, env), maxAttempts, sight)
  {
  }

  lemma {:induction false} JobStepTells(db: Db, p: nat, j: Job, e: JobEvent, maxAttempts: nat, sight: Sight)
    requires Shaped(j) && Tells(Making(j), sight)
    ensures JobRemembers(JobStep(db, p, j, e, maxAttempts).1, sight) <==> JobRemembers(j, sight) || JobShows(j, e, maxAttempts, sight)
  {
    if TouchesWallet(PcOf(j, e.part)) {
      PayStepTells(db, p, j, e, maxAttempts, sight);
    } else if e.part == Task {
      TaskMoveTells(j, e.env, maxAttempts, sight);
    } else {
      PollerMoveTells(j, e.env, maxAttempts, sight);
    }
  }

  lemma {:induction false} CheckoutStepTells(db: Db, s: Sid, c: Checkout, sight: Sight)
    requires sight.RowStored?
    ensures CheckoutStep(db, s, c).1.pc.CheckoutDone? <==> c.pc.CheckoutDone? || CheckoutShows(db, c, sight)
  {
  }

  lemma {:induction false} DeliveryStepTells(db: Db, s: Sid, d: Delivery)
    ensures DeliveryStep(db, s, d).1.pc.DeliveryDropped? <==> d.pc.DeliveryDropped?
  {
  }

  lemma {:induction false} VerifyStepTells(db: Db, s: Sid, v: Verify, sight: Sight)
    requires VerifyOk(db, s, v) && (s in db.open ==> TxOk(db, s, db.open[s])) && Tells(Verifying(v), sight)
    ensures VerifyRemembers(VerifyStep(db, s, v).1, sight) <==> VerifyRemembers(v, sight) || VerifyShows(db, v, sight)
  {
  }

  lemma {:induction false} StepTells(db: Db, opening: map<User, int>, p: nat, proc: Proc, je: JobEvent, ev: TurnEvent, maxAttempts: nat, sight: Sight)
    requires SafeDb(db, opening) && ProcOk(db, p, proc, maxAttempts) && Tells(proc, sight)
    ensures Remembers(StepProc(db, p, proc, je, ev, maxAttempts).1, sight)
       <==> Remembers(proc, sight) || Shows(db, p, proc, je, ev, maxAttempts, sight)
  {
    match proc
    case Buying(c) => CheckoutStepTells(db, Sid(p, 0), c, sight);
    case Delivering(d) => DeliveryStepTells(db, Sid(p, 0), d);
    case Verifying(v) => SafeVerifyTells(db, opening, Sid(p, 0), v, sight);
    case Making(j) => JobStepTells(db, p, j, je, maxAttempts, sight);
    case Chatting(_) =>
  }

  lemma {:induction false} SafeVerifyTells(db: Db, opening: map<User, int>, s: Sid, v: Verify, sight: Sight)
    requires SafeDb(db, opening) && VerifyOk(db, s, v) && Tells(Verifying(v), sight)
    ensures VerifyRemembers(VerifyStep(db, s, v).1, sight) <==> VerifyRemembers(v, sight) || VerifyShows(db, v, sight)
  {
    assert s in db.open ==> TxOk(db, s, db.open[s]);
    VerifyStepTells(db, s, v, sight);
  }

  ghost predicate RemembersAt(w: World, p: nat, sight: Sight, seen: bool) {
    if p < |w.procs| then Tells(w.procs[p], sight) ==> Remembers(w.procs[p], sight) == seen else !seen
  }

  lemma {:induction false} KindStays(w: World, e: Event, maxAttempts: nat, p: nat, sight: Sight)
    requires p < |w.procs|
    ensures p < |Next(w, e, maxAttempts).procs|
    ensures Tells(Next(w, e, maxAttempts).procs[p], sight) == Tells(w.procs[p], sight)
  {
  }

  lemma {:induction false} NewcomersRemember(w: World, e: Event, maxAttempts: nat, p: nat, sight: Sight)
    requires p >= |w.procs| && p < |Next(w, e, maxAttempts).procs|
    ensures Tells(Next(w, e, maxAttempts).procs[p], sight) ==> !Remembers(Next(w, e, maxAttempts).procs[p], sight)
  {
  }

  lemma {:induction false} OthersTell(w: World, e: Event, maxAttempts: nat, p: nat, sight: Sight)
    requires p < |w.procs| && !(e.Step? && e.p == p) && Tells(w.procs[p], sight)
    ensures var w' := Next(w, e, maxAttempts);
            && p < |w'.procs|
            && (Remembers(w'.procs[p], sight) <==> Remembers(w.procs[p], sight) || EventShows(w, e, maxAttempts, p, sight))
  {
  }

  lemma {:induction false} NextTells(w: World, opening: map<User, int>, e: Event, maxAttempts: nat, p: nat, sight: Sight, seen: bool)
    requires Inv(w, opening, maxAttempts) && RemembersAt(w, p, sight, seen)
    ensures RemembersAt(Next(w, e, maxAttempts), p, sight, seen || EventShows(w, e, maxAttempts, p, sight))
  {
    if p < |w.procs| {
      KindStays(w, e, maxAttempts, p, sight);
      if Tells(w.procs[p], sight) {
        if e.Step? && e.p == p {
          assert ProcOk(w.db, p, w.procs[p], maxAttempts);
          StepTells(w.db, opening, p, w.procs[p], e.je, e.ev, maxAttempts, sight);
        } else {
          OthersTell(w, e, maxAttempts, p, sight);
        }
      }
    } else if p < |Next(w, e, maxAttempts).procs| {
      NewcomersRemember(w, e, maxAttempts, p, sight);
    }
  }

  /** The state of a process tells what it has met. */
  lemma {:induction false} RunTells(opening: map<User, int>, events: seq<Event>, maxAttempts: nat, p: nat, sight: Sight)
    requires maxAttempts > 0
    ensures RemembersAt(RunFrom(Start(opening), events, maxAttempts), p, sight, Seen(opening, events, maxAttempts, p, sight))
  {
    if events != [] {
      var n := |events| - 1;
      RunTells(opening, events[..n], maxAttempts, p, sight);
      EveryRunIsSafe(opening, events[..n], maxAttempts);
      LastStep(Start(opening), events, maxAttempts);
      SeenGrows(opening, events, maxAttempts, p, sight);
      NextTells(RunFrom(Start(opening), events[..n], maxAttempts), opening, events[n], maxAttempts, p, sight,
                Seen(opening, events[..n], maxAttempts, p, sight));
    }
  }

  /** What a run has shown of a job is in its state. */
  lemma {:induction false} JobTells(opening: map<User, int>, events: seq<Event>, maxAttempts: nat, p: nat)
    requires maxAttempts > 0
    requires var w := RunFrom(Start(opening), events, maxAttempts); p < |w.procs| && w.procs[p].Making?
    ensures var j := RunFrom(Start(opening), events, maxAttempts).procs[p].job;
            && j.lateFault == Seen(opening, events, maxAttempts, p, LateFault)
            && HandoverFailed(j) == Seen(opening, events, maxAttempts, p, HandoverFault)
            && j.task.JobStranded? == Seen(opening, events, maxAttempts, p, Lost(Task))
            && j.poller.JobStranded? == Seen(opening, events, maxAttempts, p, Lost(Poller))
            && j.task.JobRefunded? == Seen(opening, events, maxAttempts, p, RefundCommitted(Task))
            && j.poller.JobRefunded? == Seen(opening, events, maxAttempts, p, RefundCommitted(Poller))
            && j.delivered == Seen(opening, events, maxAttempts, p, Stores)
  {
    RunTells(opening, events, maxAttempts, p, LateFault);
    RunTells(opening, events, maxAttempts, p, HandoverFault);
    RunTells(opening, events, maxAttempts, p, Lost(Task));
    RunTells(opening, events, maxAttempts, p, Lost(Poller));
    RunTells(opening, events, maxAttempts, p, RefundCommitted(Task));
    RunTells(opening, events, maxAttempts, p, RefundCommitted(Poller));
    RunTells(opening, events, maxAttempts, p, Stores);
  }
}
