/** The handlers and tasks at work on the database object: one call runs a process up to
    its next await and returns where it now stands. Each method is proved against the
    step function of its process. */
module Handlers {
  import opened Wrappers
  import opened Pricing
  import opened Affordability
  import opened Ledger
  import opened Billing
  import opened Payments
  import opened MediaJobs
  import opened ChatBilling

  method InsertCheckoutRow(db: Database, s: Sid, c: Checkout) returns (c': Checkout)
    requires db.Valid()
    modifies db
    ensures db.Valid()
    ensures (db.View(), c') == CheckoutStep(old(db.View()), s, c)
  {
    c' := c;
    match c.pc
    case CheckoutStart =>
      var answer := db.Insert(s, c.ref, c.user, c.credits);
      match answer {
        case Proceeds => c' := c.(pc := CheckoutInserted);
        case Refuses =>
          db.RollbackSession(s);
          c' := c.(pc := CheckoutFailed);
        case Waits =>
      }
    case CheckoutInserted =>
      db.CommitSession(s);
      c' := c.(pc := CheckoutDone);
    case _ =>
  }

  /** _handle_checkout_completed with _lock_or_create_stripe_transaction. */
  method HandleCheckoutCompleted(db: Database, s: Sid, d: Delivery) returns (d': Delivery)
    requires db.Valid()
    modifies db
    ensures db.Valid()
    ensures (db.View(), d') == DeliveryStep(old(db.View()), s, d)
  {
    d' := d;
    match d.pc
    case DeliveryStart =>
      if !d.paid {
        return d.(pc := DeliveryDone);
      }
      d' := TakeRow(db, s, d, DeliveryMissing);
    case DeliveryMissing =>
      if d.metadata.None? {
        return d.(pc := DeliveryGaveUp);
      }
      var answer := db.Insert(s, Stripe(d.session), d.metadata.value.user, d.metadata.value.credits);
      match answer {
        case Proceeds => d' := d.(pc := DeliveryLocked);
        case Refuses =>
          db.RollbackSession(s);
          d' := d.(pc := DeliveryRetry);
        case Waits =>
      }
    case DeliveryRetry =>
      d' := TakeRow(db, s, d, DeliveryGaveUp);
    case DeliveryLocked =>
      var tx := db.Current(s);
      if tx.hold.None? || tx.hold.value.after.completed {
        db.RollbackSession(s);
        return d.(pc := DeliveryDone);
      }
      var answer := db.SettleHeld(s, tx.hold.value.after.payment);
      if answer == Proceeds {
        d' := d.(pc := DeliveryCredited);
      }
    case DeliveryCredited =>
      db.CommitSession(s);
      d' := d.(pc := DeliveryDone);
    case _ =>
  }

  method TakeRow(db: Database, s: Sid, d: Delivery, missing: DeliveryPc) returns (d': Delivery)
    modifies db`open
    ensures match SelectForUpdate(old(db.View()), s, Stripe(d.session))
            case Blocked => d' == d && db.View() == old(db.View())
            case Refused => d' == d.(pc := missing) && db.View() == old(db.View())
            case Done(after) => d' == d.(pc := DeliveryLocked) && db.View() == after
  {
    var answer := db.LockRow(s, Stripe(d.session));
    match answer
    case Proceeds => d' := d.(pc := DeliveryLocked);
    case Refuses => d' := d.(pc := missing);
    case Waits => d' := d;
  }

  method VerifyRazorpayPayment(db: Database, s: Sid, v: Verify) returns (v': Verify)
    requires db.Valid()
    modifies db
    ensures db.Valid()
    ensures (db.View(), v') == VerifyStep(old(db.View()), s, v)
  {
    v' := v;
    match v.pc
    case VerifyStart =>
      var answer := db.LockRow(s, Order(v.order));
      match answer {
        case Proceeds => v' := v.(pc := VerifyLocked);
        case Refuses => v' := v.(pc := VerifyEnded(NotFound));
        case Waits =>
      }
    case VerifyLocked =>
      var tx := db.Current(s);
      if tx.hold.None? {
        db.RollbackSession(s);
        return v.(pc := VerifyEnded(VerifyStatus.Failed));
      }
      if tx.hold.value.after.user != v.caller {
        db.RollbackSession(s);
        return v.(pc := VerifyEnded(Forbidden));
      }
      if tx.hold.value.after.completed {
        db.RollbackSession(s);
        return v.(pc := VerifyEnded(AlreadyProcessed));
      }
      var answer := db.SettleHeld(s, Some(v.payment));
      if answer == Proceeds {
        v' := v.(pc := VerifyCredited);
      }
    case VerifyCredited =>
      var tx := db.Current(s);
      if tx.hold.None? {
        db.RollbackSession(s);
        return v.(pc := VerifyEnded(VerifyStatus.Failed));
      }
      var answer := db.Flush(s);
      match answer {
        case Proceeds => v' := v.(pc := VerifyFlushed);
        case Refuses =>
          db.RollbackSession(s);
          v' := v.(pc := VerifyEnded(Conflict));
        case Waits =>
      }
    case VerifyFlushed =>
      db.CommitSession(s);
      v' := v.(pc := VerifyEnded(Success));
    case VerifyEnded(_) =>
  }

  /** What remains of a poll that is not the last word: queue the next one, or give up. */
  method PollAgain(j: Job, attempt: nat, maxAttempts: nat) returns (j': Job)
    ensures j' == Reschedule(j, attempt, maxAttempts)
  {
    if attempt >= maxAttempts {
      return j.(poller := JobFailing);
    }
    return j.(poller := JobRescheduling(attempt + 1));
  }

  /** poll_avatar_task, up to the moment its outcome is stored. */
  method PollAvatar(j: Job, attempt: nat, env: Env, maxAttempts: nat) returns (j': Job)
    ensures j' == Poll(j, attempt, env, maxAttempts)
  {
    j' := j.(polls := j.polls + 1);
    if env == DidError {
      return j'.(poller := JobFailing);
    } else if env == Killed {
      return j'.(poller := JobStranded);
    }
    if env != Succeed || j.video.None? {
      j' := PollAgain(j', attempt, maxAttempts);
      return;
    }
    j' := j'.(video := Some(Completed), delivered := true);
    j' := j'.(poller := JobStored(attempt));
  }

  /** _fail_video up to the refund. */
  method MarkFailed(j: Job, part: Part, env: Env) returns (j': Job)
    ensures j' == FailVideo(j, part, env)
  {
    if env == Killed {
      return WithPc(j, part, JobStranded);
    }
    j' := j;
    if env == Succeed && j.video.Some? {
      j' := j.(video := Some(VideoStatus.Failed));
    }
    j' := WithPc(j', part, JobRefundDue);
  }

  /** The queueing at the end of an endpoint, and the bodies of the three generating tasks. */
  method RunTask(j: Job, env: Env) returns (j': Job)
    ensures j' == TaskMove(j, env)
  {
    j' := j;
    match j.task
    case JobReserved =>
      if env == Succeed {
        j' := j.(task := JobQueued);
      } else {
        j' := j.(task := JobStranded);
      }
    case JobQueued =>
      if env == Killed {
        j' := j.(task := JobStranded);
      } else if env != Succeed {
        j' := j.(task := JobFailing);
      } else if !j.avatar {
        j' := j.(delivered := true);
        j' := j'.(task := JobStored(0));
      } else if j.video.None? {
        j' := j.(task := JobFailing);
      } else {
        j' := j.(video := Some(External));
        j' := j'.(task := JobSubmitted);
      }
    case JobSubmitted =>
      if env == Succeed {
        j' := j.(poller := JobPolling(1));
        j' := j'.(task := JobHandingOver);
      } else if env == Killed {
        j' := j.(task := JobStranded);
      } else {
        j' := j.(task := JobFailing);
      }
    case JobHandingOver =>
      if env == Succeed || env == Killed {
        j' := j.(task := JobHandedOver);
      } else {
        j' := j.(task := JobFailing);
      }
    case JobStored(_) =>
      if env == Succeed || env == Killed {
        return j.(task := JobDone);
      }
      j' := j.(lateFault := true);
      j' := j'.(task := JobFailing);
    case JobFailing =>
      j' := MarkFailed(j, Task, env);
    case _ =>
  }

  /** The poller between its polls. */
  method RunPoller(j: Job, env: Env, maxAttempts: nat) returns (j': Job)
    ensures j' == PollerMove(j, env, maxAttempts)
  {
    j' := j;
    match j.poller
    case JobPolling(attempt) =>
      j' := PollAvatar(j, attempt, env, maxAttempts);
    case JobRescheduling(attempt) =>
      if env == Succeed {
        j' := j.(poller := JobPolling(attempt));
      } else {
        j' := j.(poller := JobStranded);
      }
    case JobStored(attempt) =>
      if env == Succeed || env == Killed {
        return j.(poller := JobDone);
      }
      j' := j.(lateFault := true);
      j' := PollAgain(j', attempt, maxAttempts);
    case JobFailing =>
      j' := MarkFailed(j, Poller, env);
    case _ =>
  }

  /** _reserve_credits with the commit that follows it, and _refund at the end of a task or
      a poll. */
  method RunPayment(db: Database, proc: nat, j: Job, part: Part, env: Env) returns (j': Job)
    requires db.Valid() && TouchesWallet(PcOf(j, part))
    modifies db
    ensures db.Valid()
    ensures (db.View(), j') == JobPayStep(old(db.View()), proc, j, part, env)
  {
    j' := j;
    var s, pc := SidOf(proc, part), PcOf(j, part);
    if pc == JobStart {
      var answer := db.Debit(s, j.user, j.cost, false, MediaDebit(proc));
      match answer {
        case Proceeds => j' := WithPc(j, part, JobDebited);
        case Refuses =>
          db.RollbackSession(s);
          j' := WithPc(j, part, JobRejected);
        case Waits =>
      }
    } else if pc == JobDebited {
      if env != Succeed {
        db.RollbackSession(s);
        return WithPc(j, part, JobRejected);
      }
      db.CommitSession(s);
      j' := j.(video := if j.avatar then Some(Processing) else None);
      j' := WithPc(j', part, JobReserved);
    } else if pc == JobRefundDue {
      if env != Succeed {
        return WithPc(j, part, JobStranded);
      }
      var answer := db.Refund(s, j.user, j.cost);
      if answer == Proceeds {
        j' := WithPc(j, part, JobRefunding);
      }
    } else {
      if env != Succeed {
        db.RollbackSession(s);
        return WithPc(j, part, JobStranded);
      }
      db.CommitSession(s);
      j' := WithPc(j, part, JobRefunded);
    }
  }

  /** One step of one part of a paid job. */
  method RunMediaJob(db: Database, proc: nat, j: Job, e: JobEvent, maxAttempts: nat) returns (j': Job)
    requires db.Valid()
    modifies db
    ensures db.Valid()
    ensures (db.View(), j') == JobStep(old(db.View()), proc, j, e, maxAttempts)
  {
    if TouchesWallet(PcOf(j, e.part)) {
      j' := RunPayment(db, proc, j, e.part, e.env);
    } else if e.part == Task {
      j' := RunTask(j, e.env);
    } else {
      j' := RunPoller(j, e.env, maxAttempts);
    }
  }

  /** One event of a chat turn: the balance reading and budgets of run_turn, and the
      bookkeeping of _record_reply. */
  method RunChatTurn(db: Database, proc: nat, t: Turn, ev: TurnEvent) returns (t': Turn)
    requires db.Valid()
    modifies db
    ensures db.Valid()
    ensures (db.View(), t') == TurnStep(old(db.View()), proc, t, ev)
  {
    t' := t;
    match ev
    case Look =>
      if t.pc == TurnStart {
        var balance := db.GetBalance(t.user);
        t' := t.(pc := if balance <= 0 then TurnEnded else TurnChecked(balance));
      }
    case Plan(requests, effort) =>
      if t.pc.TurnChecked? && requests != [] {
        var plan := PlanSlots(requests, t.pc.balance, effort);
        t' := t.(pc := if plan.Refused? then TurnEnded else TurnRunning(Opened(plan.budgets)));
      }
    case GiveUp =>
      if t.pc == TurnStart || t.pc.TurnChecked? {
        t' := t.(pc := TurnEnded);
      }
    case Quiet(i) =>
      if SlotIs(t, i, Streaming) {
        t' := SetSlot(t, i, Closed);
      }
    case Charge(i, use, served) =>
      if SlotIs(t, i, Streaming) {
        var answer := db.ChargeReply(Sid(proc, i), ReplyOf(proc, t, i, use, served));
        match answer {
          case Proceeds => t' := SetSlot(t, i, Charging);
          case Refuses =>
            db.RollbackSession(Sid(proc, i));
            t' := SetSlot(t, i, Closed);
          case Waits =>
        }
      }
    case CommitSlot(i) =>
      if SlotIs(t, i, Charging) {
        db.CommitSession(Sid(proc, i));
        t' := SetSlot(t, i, Closed);
      }
    case Drop(i, _) =>
      if SlotIs(t, i, Charging) {
        db.RollbackSession(Sid(proc, i));
        t' := SetSlot(t, i, Closed);
      }
    case Finish =>
      if t.pc.TurnRunning? && forall i :: 0 <= i < |t.pc.slots| ==> t.pc.slots[i].pc == Closed {
        t' := t.(pc := TurnEnded);
      }
  }
}
