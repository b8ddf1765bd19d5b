/** Paid media generation: the endpoints of app/api/v1/endpoints/media.py debit, commit
    and queue; the tasks of app/workers/tasks.py deliver or refund, and the avatar
    poller reschedules itself. A job has two parts that can be alive at once: the task its
    endpoint queued, and the chain of polls that an avatar task queues in turn. */
module MediaJobs {
  import opened Wrappers
  import opened Ledger

  datatype VideoStatus = Processing | External | Completed | Failed

  datatype JobPc =
    | JobStart               // nothing charged yet
    | JobDebited             // the guarded UPDATE has run, not committed
    | JobReserved            // charged; the task is not queued yet
    | JobQueued
    | JobSubmitted           // D-ID accepted the job; the poll is not queued yet
    | JobHandingOver         // the broker has the poll; the task has not returned
    | JobHandedOver
    | JobIdle                // no poll has been queued
    | JobPolling(attempt: nat)
    | JobRescheduling(attempt: nat)
    | JobStored(attempt: nat)   // the asset's row is committed; the task has not returned
    | JobFailing             // _fail_video, before marking the row
    | JobRefundDue
    | JobRefunding           // the refund has run, not committed
    | JobRejected | JobDone | JobRefunded
    | JobStranded            // this part ended without its refund or its successor

  /** `video` is the generated_videos row, None before the insert, after a delete, and
      for speech and images. `delivered`, `lateFault` and `polls` record history. */
  datatype Job = Job(user: User, cost: int, avatar: bool, video: Option<VideoStatus>,
                     delivered: bool, lateFault: bool, polls: nat, task: JobPc, poller: JobPc)

  datatype Part = Task | Poller

  /** What the outside world answers to the step: success, an exception, the death of the
      worker (the hard time limit), a DIDError, or "still rendering". */
  datatype Env = Succeed | Fail | Killed | DidError | StillRendering

  datatype JobEvent = JobEvent(part: Part, env: Env)

  function PcOf(j: Job, part: Part): JobPc {
    if part == Task then j.task else j.poller
  }

  function WithPc(j: Job, part: Part, pc: JobPc): Job {
    if part == Task then j.(task := pc) else j.(poller := pc)
  }

  /** Each part runs its transactions in a session of its own. */
  function SidOf(proc: nat, part: Part): Sid {
    Sid(proc, if part == Task then 0 else 1)
  }

  /** What is left of a poll that is not the last word: queue the next one, or give up. */
  function Reschedule(j: Job, attempt: nat, maxAttempts: nat): Job {
    j.(poller := if attempt >= maxAttempts then JobFailing else JobRescheduling(attempt + 1))
  }

  /** poll_avatar_task, one execution. */
  function Poll(j: Job, attempt: nat, env: Env, maxAttempts: nat): Job {
    var j' := j.(polls := j.polls + 1);
    match env
    case DidError => j'.(poller := JobFailing)
    case Killed => j'.(poller := JobStranded)
    case StillRendering => Reschedule(j', attempt, maxAttempts)
    case Fail => Reschedule(j', attempt, maxAttempts)
    case Succeed =>
      if j.video.None? then Reschedule(j', attempt, maxAttempts)
      else j'.(video := Some(Completed), delivered := true, poller := JobStored(attempt))
  }

  /** _fail_video up to the refund, and what a killed worker leaves of it. */
  function FailVideo(j: Job, part: Part, env: Env): Job {
    if env == Killed then WithPc(j, part, JobStranded)
    else WithPc(j, part, JobRefundDue).(video := if env == Succeed && j.video.Some? then Some(Failed) else j.video)
  }

  /** A task that stores its asset itself, or submits an avatar whose row is still there. */
  function Generate(j: Job, env: Env): Job {
    if env == Killed then j.(task := JobStranded)
    else if env != Succeed || (j.avatar && j.video.None?) then j.(task := JobFailing)
    else if j.avatar then j.(task := JobSubmitted, video := Some(External))
    else j.(task := JobStored(0), delivered := true)
  }

  /** The steps of the task that do not touch the wallet. The enqueue of the first poll can
      fail before the broker has it, and the task can fail after: then the poller and the
      refund are both under way. */
  function TaskMove(j: Job, env: Env): Job {
    match j.task
    case JobReserved => j.(task := if env == Succeed then JobQueued else JobStranded)
    case JobQueued => Generate(j, env)
    case JobSubmitted =>
      if env == Succeed then j.(task := JobHandingOver, poller := JobPolling(1))
      else j.(task := if env == Killed then JobStranded else JobFailing)
    case JobHandingOver => j.(task := if env == Succeed || env == Killed then JobHandedOver else JobFailing)
    case JobStored(_) =>
      if env == Succeed || env == Killed then j.(task := JobDone) else j.(task := JobFailing, lateFault := true)
    case JobFailing => FailVideo(j, Task, env)
    case _ => j
  }

  /** Those of the poller. */
  function PollerMove(j: Job, env: Env, maxAttempts: nat): Job {
    match j.poller
    case JobPolling(attempt) => Poll(j, attempt, env, maxAttempts)
    case JobRescheduling(attempt) => j.(poller := if env == Succeed then JobPolling(attempt) else JobStranded)
    case JobStored(attempt) =>
      if env == Succeed || env == Killed then j.(poller := JobDone)
      else Reschedule(j, attempt, maxAttempts).(lateFault := true)
    case JobFailing => FailVideo(j, Poller, env)
    case _ => j
  }

  function JobMove(j: Job, part: Part, env: Env, maxAttempts: nat): Job {
    if part == Task then TaskMove(j, env) else PollerMove(j, env, maxAttempts)
  }

  predicate TouchesWallet(pc: JobPc) {
    pc.JobStart? || pc.JobDebited? || pc.JobRefundDue? || pc.JobRefunding?
  }

  /** The steps that do: reserve and refund, each a statement and a commit. */
  function JobPayStep(db: Db, proc: nat, j: Job, part: Part, env: Env): (Db, Job)
    requires TouchesWallet(PcOf(j, part))
  {
    var s := SidOf(proc, part);
    match PcOf(j, part)
    case JobStart => (
      match DebitStmt(db, s, j.user, j.cost, false, MediaDebit(proc))
      case Blocked => (db, j)
      case Refused => (Rollback(db, s), WithPc(j, part, JobRejected))
      case Done(db') => (db', WithPc(j, part, JobDebited)))
    case JobDebited =>
      if env != Succeed then (Rollback(db, s), WithPc(j, part, JobRejected))
      else (Commit(db, s), WithPc(j, part, JobReserved).(video := if j.avatar then Some(Processing) else None))
    case JobRefundDue =>
      if env != Succeed then (db, WithPc(j, part, JobStranded))
      else (
        match CreditStmt(db, s, j.user, j.cost, Refund(proc))
        case Blocked => (db, j)
        case Refused => (Rollback(db, s), WithPc(j, part, JobStranded))
        case Done(db') => (db', WithPc(j, part, JobRefunding)))
    case JobRefunding =>
      if env != Succeed then (Rollback(db, s), WithPc(j, part, JobStranded))
      else (Commit(db, s), WithPc(j, part, JobRefunded))
  }

  function JobStep(db: Db, proc: nat, j: Job, e: JobEvent, maxAttempts: nat): (Db, Job) {
    if TouchesWallet(PcOf(j, e.part)) then JobPayStep(db, proc, j, e.part, e.env)
    else (db, JobMove(j, e.part, e.env, maxAttempts))
  }

  /** delete_video: the owner may remove the row at any time once it exists. */
  function DeleteVideo(j: Job): Job {
    j.(video := None)
  }

  // --- the invariant of a job -------------------------------------------

  function DebitPosting(proc: nat, j: Job): Posting {
    Posting(j.user, 0 - Granted(j.cost), MediaDebit(proc))
  }

  function RefundPosting(proc: nat, j: Job): Posting {
    Posting(j.user, Granted(j.cost), Refund(proc))
  }

  predicate Charged(j: Job) {
    !j.task.JobStart? && !j.task.JobDebited? && !j.task.JobRejected?
  }

  predicate Ended(pc: JobPc) {
    || pc.JobRejected? || pc.JobDone? || pc.JobRefunded? || pc.JobStranded?
    || pc.JobHandedOver? || pc.JobIdle?
  }

  /** Neither part has anything left to do. */
  predicate Terminal(j: Job) {
    Ended(j.task) && Ended(j.poller)
  }

  function RefundsBy(pc: JobPc): nat {
    if pc.JobRefunded? then 1 else 0
  }

  function Refunds(j: Job): nat {
    RefundsBy(j.task) + RefundsBy(j.poller)
  }

  /** A debit and that many refunds. */
  function Movements(proc: nat, j: Job, refunds: nat): seq<Posting> {
    if refunds == 0 then [DebitPosting(proc, j)] else Movements(proc, j, refunds - 1) + [RefundPosting(proc, j)]
  }

  /** The wallet movements of a job are determined by where its parts are: one debit once
      it is charged, one refund of the same amount for each part that has refunded, nothing
      else. */
  function JobPostings(proc: nat, j: Job): seq<Posting> {
    if !Charged(j) then [] else Movements(proc, j, Refunds(j))
  }

  predicate TaskPc(pc: JobPc, avatar: bool) {
    && !pc.JobPolling? && !pc.JobRescheduling? && !pc.JobIdle?
    && if avatar then !pc.JobStored? && !pc.JobDone? else !pc.JobSubmitted? && !pc.JobHandingOver? && !pc.JobHandedOver?
  }

  predicate PollerPc(pc: JobPc) {
    || pc.JobIdle? || pc.JobPolling? || pc.JobRescheduling? || pc.JobStored? || pc.JobFailing? || pc.JobRefundDue?
    || pc.JobRefunding? || pc.JobRefunded? || pc.JobDone? || pc.JobStranded?
  }

  /** The task has not come to queueing a poll. */
  predicate BeforeHandover(pc: JobPc) {
    || pc.JobStart? || pc.JobDebited? || pc.JobRejected? || pc.JobReserved? || pc.JobQueued? || pc.JobSubmitted?
  }

  predicate Shaped(j: Job) {
    && TaskPc(j.task, j.avatar) && PollerPc(j.poller)
    && (BeforeHandover(j.task) || !j.avatar ==> j.poller.JobIdle?)
    && (j.task.JobHandingOver? || j.task.JobHandedOver? ==> !j.poller.JobIdle?)
  }

  /** The task failed with its poll in the broker's hands, so that both may refund. */
  predicate HandoverFailed(j: Job) {
    !j.poller.JobIdle? && !j.task.JobHandingOver? && !j.task.JobHandedOver?
  }

  /** Which part delivers: the poller of an avatar, the task of anything else. */
  function Deliverer(j: Job): JobPc {
    if j.avatar then j.poller else j.task
  }

  /** Each poll has its number, and there are no more of them than the limit. */
  ghost predicate PollsOk(j: Job, maxAttempts: nat) {
    && j.polls <= maxAttempts
    && (j.poller.JobIdle? ==> j.polls == 0)
    && (j.poller.JobPolling? ==> 1 <= j.poller.attempt <= maxAttempts && j.polls == j.poller.attempt - 1)
    && (j.poller.JobRescheduling? ==> 2 <= j.poller.attempt <= maxAttempts && j.polls == j.poller.attempt - 1)
    && (j.poller.JobStored? ==> 1 <= j.poller.attempt <= maxAttempts && j.polls == j.poller.attempt)
    && (j.task.JobStored? ==> j.task.attempt == 0)
  }

  /** When the asset is there: a deliverer past its store has delivered, and only a late
      fault moves it on from there. */
  ghost predicate DeliveryTold(j: Job) {
    && (Deliverer(j).JobDone? || Deliverer(j).JobStored? ==> j.delivered)
    && (BeforeHandover(j.task) || (j.avatar && j.poller.JobIdle?) ==> !j.delivered)
    && (j.lateFault ==> j.delivered)
    && (j.delivered && !j.lateFault ==> Deliverer(j).JobStored? || Deliverer(j).JobDone?)
  }

  /** What its owner reads in the video row is true: completed means delivered; without a
      fault behind a store or a handover a delivered video is completed; and it is marked
      failed only by a part that gives up. */
  ghost predicate VideoTold(j: Job) {
    && (j.video == Some(Completed) ==> j.delivered)
    && (j.avatar && j.delivered && !j.lateFault && !HandoverFailed(j) && j.video.Some? ==> j.video == Some(Completed))
    && (j.video == Some(Failed) ==> GivesUp(j.task) || GivesUp(j.poller))
  }

  predicate GivesUp(pc: JobPc) {
    pc.JobRefundDue? || pc.JobRefunding? || pc.JobRefunded? || pc.JobStranded?
  }

  ghost predicate JobHistoryOk(j: Job, maxAttempts: nat) {
    Shaped(j) && PollsOk(j, maxAttempts) && DeliveryTold(j) && VideoTold(j)
  }

  ghost predicate SessionIs(db: Db, proc: nat, j: Job, part: Part) {
    var s, pc := SidOf(proc, part), PcOf(j, part);
    && (s in db.open <==> pc.JobDebited? || pc.JobRefunding?)
    && (pc.JobDebited? ==> db.open[s] == Tx(Some(DebitPosting(proc, j)), None, None))
    && (pc.JobRefunding? ==> db.open[s] == Tx(Some(RefundPosting(proc, j)), None, None))
  }

  ghost predicate JobPaid(db: Db, proc: nat, j: Job) {
    && Shaped(j)
    && Entries(db.ledger, OfJob(proc)) == JobPostings(proc, j)
    && SessionIs(db, proc, j, Task) && SessionIs(db, proc, j, Poller)
  }

  ghost predicate JobOk(db: Db, proc: nat, j: Job, maxAttempts: nat) {
    JobPaid(db, proc, j) && JobHistoryOk(j, maxAttempts)
  }

  lemma {:induction false} TaskMoveKeepsHistory(j: Job, env: Env, maxAttempts: nat)
    requires maxAttempts > 0 && JobHistoryOk(j, maxAttempts)
    ensures JobHistoryOk(TaskMove(j, env), maxAttempts)
  {
    TaskMoveKeepsShape(j, env);
    TaskMoveKeepsPolls(j, env, maxAttempts);
    TaskMoveKeepsDelivery(j, env);
    TaskMoveKeepsVideo(j, env);
  }

  lemma {:induction false} TaskMoveKeepsPlaces(j: Job, env: Env)
    requires Shaped(j)
    ensures TaskPc(TaskMove(j, env).task, j.avatar) && PollerPc(TaskMove(j, env).poller)
  {
  }

  lemma {:induction false} TaskMoveKeepsOrder(j: Job, env: Env)
    requires Shaped(j)
    ensures var j' := TaskMove(j, env);
            && j'.avatar == j.avatar
            && (BeforeHandover(j'.task) || !j'.avatar ==> j'.poller.JobIdle?)
            && (j'.task.JobHandingOver? || j'.task.JobHandedOver? ==> !j'.poller.JobIdle?)
  {
  }

  lemma {:induction false} TaskMoveKeepsShape(j: Job, env: Env)
    requires Shaped(j)
    ensures Shaped(TaskMove(j, env))
  {
    TaskMoveKeepsPlaces(j, env);
    TaskMoveKeepsOrder(j, env);
  }

  lemma {:induction false} TaskMoveKeepsPolls(j: Job, env: Env, maxAttempts: nat)
    requires maxAttempts > 0 && Shaped(j) && PollsOk(j, maxAttempts)
    ensures PollsOk(TaskMove(j, env), maxAttempts)
  {
  }

  lemma {:induction false} TaskMoveKeepsDelivery(j: Job, env: Env)
    requires Shaped(j) && DeliveryTold(j)
    ensures DeliveryTold(TaskMove(j, env))
  {
  }

  lemma {:induction false} TaskMoveKeepsVideo(j: Job, env: Env)
    requires Shaped(j) && DeliveryTold(j) && VideoTold(j)
    ensures VideoTold(TaskMove(j, env))
  {
  }

  lemma {:induction false} PollerMoveKeepsVideo(j: Job, env: Env, maxAttempts: nat)
    requires Shaped(j) && DeliveryTold(j) && VideoTold(j)
    ensures VideoTold(PollerMove(j, env, maxAttempts))
  {
  }

  lemma {:induction false} PollerMoveKeepsShape(j: Job, env: Env, maxAttempts: nat)
    requires Shaped(j)
    ensures Shaped(PollerMove(j, env, maxAttempts))
  {
  }

  lemma {:induction false} ReschedulingKeepsPolls(j: Job, attempt: nat, maxAttempts: nat)
    requires 1 <= attempt <= maxAttempts && j.polls == attempt && (j.task.JobStored? ==> j.task.attempt == 0)
    ensures PollsOk(Reschedule(j, attempt, maxAttempts), maxAttempts)
  {
  }

  lemma {:induction false} PollKeepsPolls(j: Job, attempt: nat, env: Env, maxAttempts: nat)
    requires 1 <= attempt <= maxAttempts && j.polls == attempt - 1 && (j.task.JobStored? ==> j.task.attempt == 0)
    ensures PollsOk(Poll(j, attempt, env, maxAttempts), maxAttempts)
  {
    ReschedulingKeepsPolls(j.(polls := j.polls + 1), attempt, maxAttempts);
  }

  lemma {:induction false} PollerMoveKeepsPolls(j: Job, env: Env, maxAttempts: nat)
    requires maxAttempts > 0 && PollsOk(j, maxAttempts)
    ensures PollsOk(PollerMove(j, env, maxAttempts), maxAttempts)
  {
    match j.poller
    case JobPolling(attempt) => PollKeepsPolls(j, attempt, env, maxAttempts);
    case JobStored(attempt) => ReschedulingKeepsPolls(j, attempt, maxAttempts);
    case _ =>
  }

  lemma {:induction false} PollerMoveKeepsDelivery(j: Job, env: Env, maxAttempts: nat)
    requires Shaped(j) && DeliveryTold(j)
    ensures DeliveryTold(PollerMove(j, env, maxAttempts))
  {
  }

  lemma {:induction false} PollerMoveKeepsHistory(j: Job, env: Env, maxAttempts: nat)
    requires maxAttempts > 0 && JobHistoryOk(j, maxAttempts)
    ensures JobHistoryOk(PollerMove(j, env, maxAttempts), maxAttempts)
  {
    PollerMoveKeepsShape(j, env, maxAttempts);
    PollerMoveKeepsPolls(j, env, maxAttempts);
    PollerMoveKeepsDelivery(j, env, maxAttempts);
    PollerMoveKeepsVideo(j, env, maxAttempts);
  }

  lemma {:induction false} MoveKeepsHistory(j: Job, part: Part, env: Env, maxAttempts: nat)
    requires maxAttempts > 0 && JobHistoryOk(j, maxAttempts)
    ensures JobHistoryOk(JobMove(j, part, env, maxAttempts), maxAttempts)
  {
    if part == Task {
      TaskMoveKeepsHistory(j, env, maxAttempts);
    } else {
      PollerMoveKeepsHistory(j, env, maxAttempts);
    }
  }

  lemma {:induction false} WalletStepKeepsHistory(db: Db, proc: nat, j: Job, part: Part, env: Env, maxAttempts: nat)
    requires maxAttempts > 0 && JobHistoryOk(j, maxAttempts) && TouchesWallet(PcOf(j, part))
    ensures JobHistoryOk(JobPayStep(db, proc, j, part, env).1, maxAttempts)
  {
    PayingMovesOn(db, proc, j, part, env);
    PayingKeepsHistory(j, JobPayStep(db, proc, j, part, env).1, part, maxAttempts);
  }

  /** The other part stays where it is, and this one goes down the list. */
  predicate MovedOn(j: Job, j': Job, part: Part) {
    && j'.avatar == j.avatar && j'.delivered == j.delivered && j'.lateFault == j.lateFault && j'.polls == j.polls
    && ((PcOf(j, part).JobDebited? && PcOf(j', part).JobReserved?) || j'.video == j.video)
    && (j'.video == j.video || j'.video == Some(Processing) || j'.video.None?)
    && (part == Task ==> j'.poller == j.poller)
    && (part == Poller ==> j'.task == j.task)
    && (match PcOf(j, part)
        case JobStart => PcOf(j', part).JobDebited? || PcOf(j', part).JobRejected?
        case JobDebited => PcOf(j', part).JobReserved? || PcOf(j', part).JobRejected?
        case JobRefundDue => PcOf(j', part).JobRefunding? || PcOf(j', part).JobStranded?
        case _ => PcOf(j', part).JobRefunded? || PcOf(j', part).JobStranded?)
  }

  lemma {:induction false} PayingMovesOn(db: Db, proc: nat, j: Job, part: Part, env: Env)
    requires TouchesWallet(PcOf(j, part))
    ensures var (db', j') := JobPayStep(db, proc, j, part, env);
            MovedOn(j, j', part) || (j' == j && db' == db && !WalletFree(db.open, SidOf(proc, part), j.user))
  {
  }

  lemma {:induction false} PayingKeepsHistory(j: Job, j': Job, part: Part, maxAttempts: nat)
    requires JobHistoryOk(j, maxAttempts) && TouchesWallet(PcOf(j, part)) && (j' == j || MovedOn(j, j', part))
    ensures JobHistoryOk(j', maxAttempts)
  {
  }

  lemma {:induction false} JobHistoryIsKept(db: Db, proc: nat, j: Job, e: JobEvent, maxAttempts: nat)
    requires maxAttempts > 0 && JobHistoryOk(j, maxAttempts)
    ensures JobHistoryOk(JobStep(db, proc, j, e, maxAttempts).1, maxAttempts)
  {
    if TouchesWallet(PcOf(j, e.part)) {
      WalletStepKeepsHistory(db, proc, j, e.part, e.env, maxAttempts);
    } else {
      MoveKeepsHistory(j, e.part, e.env, maxAttempts);
    }
  }

  lemma {:induction false} TaskMoveStaysCharged(j: Job, env: Env)
    requires Shaped(j) && !TouchesWallet(j.task)
    ensures Charged(TaskMove(j, env)) == Charged(j)
  {
  }

  lemma {:induction false} TaskMoveRefundsNothing(j: Job, env: Env)
    requires Shaped(j) && !TouchesWallet(j.task)
    ensures Refunds(TaskMove(j, env)) == Refunds(j)
  {
  }

  lemma {:induction false} TaskMoveOpensNothing(j: Job, env: Env)
    requires Shaped(j) && !TouchesWallet(j.task)
    ensures SameSessions(j, TaskMove(j, env))
  {
  }

  lemma {:induction false} PollerMovePostsNothing(j: Job, env: Env, maxAttempts: nat)
    requires Shaped(j) && !TouchesWallet(j.poller)
    ensures var j' := PollerMove(j, env, maxAttempts);
            && Shaped(j') && SameMoney(j, j') && SameSessions(j, j')
  {
  }

  lemma {:induction false} MovePostsNothing(j: Job, part: Part, env: Env, maxAttempts: nat)
    requires Shaped(j) && !TouchesWallet(PcOf(j, part))
    ensures var j' := JobMove(j, part, env, maxAttempts);
            && Shaped(j') && SameMoney(j, j') && SameSessions(j, j')
  {
    if part == Task {
      TaskMoveKeepsShape(j, env);
      TaskMoveStaysCharged(j, env);
      TaskMoveRefundsNothing(j, env);
      TaskMoveOpensNothing(j, env);
    } else {
      PollerMovePostsNothing(j, env, maxAttempts);
    }
  }

  predicate SameMoney(j: Job, j': Job) {
    j'.user == j.user && j'.cost == j.cost && Charged(j') == Charged(j) && Refunds(j') == Refunds(j)
  }

  predicate SameSession(pc: JobPc, pc': JobPc) {
    (pc.JobDebited? <==> pc'.JobDebited?) && (pc.JobRefunding? <==> pc'.JobRefunding?)
  }

  predicate SameSessions(j: Job, j': Job) {
    SameSession(j.task, j'.task) && SameSession(j.poller, j'.poller)
  }

  lemma {:induction false} SameMovements(proc: nat, j: Job, j': Job, refunds: nat)
    requires j'.user == j.user && j'.cost == j.cost
    ensures Movements(proc, j', refunds) == Movements(proc, j, refunds)
  {
    if refunds > 0 {
      SameMovements(proc, j, j', refunds - 1);
    }
  }

  lemma {:induction false} JobMoveIsPaid(db: Db, proc: nat, j: Job, part: Part, env: Env, maxAttempts: nat)
    requires JobPaid(db, proc, j) && !TouchesWallet(PcOf(j, part))
    ensures JobPaid(db, proc, JobMove(j, part, env, maxAttempts))
  {
    MovePostsNothing(j, part, env, maxAttempts);
    SameMovements(proc, j, JobMove(j, part, env, maxAttempts), Refunds(j));
  }

  lemma {:induction false} ChargeEffect(db: Db, proc: nat, j: Job, part: Part, env: Env)
    requires SidOf(proc, part) !in db.open && PcOf(j, part).JobStart?
    ensures var s := SidOf(proc, part);
            var stmt := DebitStmt(db, s, j.user, j.cost, false, MediaDebit(proc));
            && (stmt.Done? ==> JobPayStep(db, proc, j, part, env) == (Put(db, s, DebitTx(s, j.user, j.cost)), WithPc(j, part, JobDebited)))
            && (stmt.Refused? ==> JobPayStep(db, proc, j, part, env) == (Rollback(db, s), WithPc(j, part, JobRejected)))
            && (stmt.Blocked? ==> JobPayStep(db, proc, j, part, env) == (db, j))
  {
    var s := SidOf(proc, part);
    if DebitStmt(db, s, j.user, j.cost, false, MediaDebit(proc)).Done? {
      DebitEffect(db, s, j.user, j.cost);
    }
  }

  lemma {:induction false} RefundEffect(db: Db, proc: nat, j: Job, part: Part, env: Env)
    requires SidOf(proc, part) !in db.open && PcOf(j, part).JobRefundDue?
    ensures var s := SidOf(proc, part);
            var stmt := CreditStmt(db, s, j.user, j.cost, Refund(proc));
            && !stmt.Refused?
            && (env != Succeed ==> JobPayStep(db, proc, j, part, env) == (db, WithPc(j, part, JobStranded)))
            && (env == Succeed && stmt.Done? ==>
                  JobPayStep(db, proc, j, part, env) == (Put(db, s, RefundTx(s, j.user, j.cost)), WithPc(j, part, JobRefunding)))
            && (env == Succeed && stmt.Blocked? ==> JobPayStep(db, proc, j, part, env) == (db, j))
  {
    var s := SidOf(proc, part);
    if CreditStmt(db, s, j.user, j.cost, Refund(proc)).Done? {
      CreditEffect(db, s, j.user, j.cost);
    }
  }

  // --- paying keeps the database safe -----------------------------------

  lemma {:induction false} ChargeIsSafe(db: Db, opening: map<User, int>, proc: nat, j: Job, part: Part, env: Env)
    requires SafeDb(db, opening) && SidOf(proc, part) !in db.open && PcOf(j, part).JobStart?
    ensures SafeDb(JobPayStep(db, proc, j, part, env).0, opening)
  {
    var s := SidOf(proc, part);
    var stmt := DebitStmt(db, s, j.user, j.cost, false, MediaDebit(proc));
    ChargeEffect(db, proc, j, part, env);
    if stmt.Done? {
      DebitKeepsSafety(db, opening, s, j.user, j.cost);
    } else if stmt.Refused? {
      RollbackKeepsSafety(db, opening, s);
    }
  }

  lemma {:induction false} RefundIsSafe(db: Db, opening: map<User, int>, proc: nat, j: Job, part: Part, env: Env)
    requires SafeDb(db, opening) && SidOf(proc, part) !in db.open && PcOf(j, part).JobRefundDue?
    ensures SafeDb(JobPayStep(db, proc, j, part, env).0, opening)
  {
    var s := SidOf(proc, part);
    RefundEffect(db, proc, j, part, env);
    if env == Succeed && CreditStmt(db, s, j.user, j.cost, Refund(proc)).Done? {
      RefundKeepsSafety(db, opening, s, j.user, j.cost);
    }
  }

  lemma {:induction false} CommitIsSafe(db: Db, opening: map<User, int>, proc: nat, j: Job, part: Part, env: Env)
    requires SafeDb(db, opening) && SidOf(proc, part) in db.open && db.open[SidOf(proc, part)].hold.None?
    requires PcOf(j, part).JobDebited? || PcOf(j, part).JobRefunding?
    ensures SafeDb(JobPayStep(db, proc, j, part, env).0, opening)
  {
    if env == Succeed {
      CommitKeepsSafety(db, opening, SidOf(proc, part));
    } else {
      RollbackKeepsSafety(db, opening, SidOf(proc, part));
    }
  }

  // --- paying keeps the job's account -----------------------------------

  /** A part that opens its transaction: nothing is posted yet. */
  lemma {:induction false} OpeningKeepsJob(db: Db, proc: nat, j: Job, part: Part, pc: JobPc, p: Posting)
    requires JobPaid(db, proc, j)
    requires || (PcOf(j, part).JobStart? && pc.JobDebited? && p == DebitPosting(proc, j))
             || (PcOf(j, part).JobRefundDue? && pc.JobRefunding? && p == RefundPosting(proc, j))
    ensures JobPaid(Put(db, SidOf(proc, part), Tx(Some(p), None, None)), proc, WithPc(j, part, pc))
  {
    SameMovements(proc, j, WithPc(j, part, pc), Refunds(j));
  }

  /** A part that ends without posting: whatever its session had written is dropped. */
  lemma {:induction false} DroppingKeepsJob(db: Db, proc: nat, j: Job, part: Part, pc: JobPc)
    requires JobPaid(db, proc, j) && Drops(PcOf(j, part), pc)
    ensures JobPaid(Rollback(db, SidOf(proc, part)), proc, WithPc(j, part, pc))
  {
    DroppingPostsNothing(j, part, pc);
    SameMovements(proc, j, WithPc(j, part, pc), Refunds(j));
  }

  predicate Drops(pc: JobPc, pc': JobPc) {
    || ((pc.JobStart? || pc.JobDebited?) && pc'.JobRejected?)
    || ((pc.JobRefundDue? || pc.JobRefunding?) && pc'.JobStranded?)
  }

  lemma {:induction false} DroppingPostsNothing(j: Job, part: Part, pc: JobPc)
    requires Shaped(j) && Drops(PcOf(j, part), pc)
    ensures Shaped(WithPc(j, part, pc)) && SameMoney(j, WithPc(j, part, pc))
  {
  }

  lemma {:induction false} NothingToDrop(db: Db, s: Sid)
    requires s !in db.open
    ensures Rollback(db, s) == db
  {
    assert db.open - {s} == db.open;
  }

  /** The commit of a part's transaction posts exactly its write. */
  lemma {:induction false} ReserveCommits(db: Db, proc: nat, j: Job)
    requires JobPaid(db, proc, j) && j.task.JobDebited?
    ensures JobPaid(Commit(db, SidOf(proc, Task)), proc, j.(task := JobReserved, video := if j.avatar then Some(Processing) else None))
  {
    EntriesGrow(db.ledger, DebitPosting(proc, j), OfJob(proc));
    var j' := j.(task := JobReserved, video := if j.avatar then Some(Processing) else None);
    assert JobPostings(proc, j') == [DebitPosting(proc, j')] && JobPostings(proc, j) == [];
    SessionCloses(db, proc, j, j', Task);
  }

  /** A commit ends the session of its part and leaves that of the other. */
  lemma {:induction false} SessionCloses(db: Db, proc: nat, j: Job, j': Job, part: Part)
    requires SessionIs(db, proc, j, Task) && SessionIs(db, proc, j, Poller) && j'.user == j.user && j'.cost == j.cost
    requires PcOf(j, part).JobDebited? || PcOf(j, part).JobRefunding?
    requires !PcOf(j', part).JobDebited? && !PcOf(j', part).JobRefunding?
    requires if part == Task then j'.poller == j.poller else j'.task == j.task
    ensures var db' := Commit(db, SidOf(proc, part)); SessionIs(db', proc, j', Task) && SessionIs(db', proc, j', Poller)
  {
  }

  lemma {:induction false} RefundCommits(db: Db, proc: nat, j: Job, part: Part)
    requires JobPaid(db, proc, j) && PcOf(j, part).JobRefunding?
    ensures JobPaid(Commit(db, SidOf(proc, part)), proc, WithPc(j, part, JobRefunded))
  {
    var j' := WithPc(j, part, JobRefunded);
    EntriesGrow(db.ledger, RefundPosting(proc, j), OfJob(proc));
    SameMovements(proc, j, j', Refunds(j));
    assert JobPostings(proc, j') == JobPostings(proc, j) + [RefundPosting(proc, j)];
    SessionCloses(db, proc, j, j', part);
  }

  lemma {:induction false} ChargeIsPaid(db: Db, proc: nat, j: Job, part: Part, env: Env)
    requires JobPaid(db, proc, j) && PcOf(j, part).JobStart?
    ensures var (db', j') := JobPayStep(db, proc, j, part, env);
            JobPaid(db', proc, j') && Frame(db, db', proc)
  {
    var s := SidOf(proc, part);
    ChargeEffect(db, proc, j, part, env);
    PutFrame(db, s, DebitTx(s, j.user, j.cost));
    RollbackFrame(db, s);
    OpeningKeepsJob(db, proc, j, part, JobDebited, DebitPosting(proc, j));
    DroppingKeepsJob(db, proc, j, part, JobRejected);
  }

  lemma {:induction false} RefundIsPaid(db: Db, proc: nat, j: Job, part: Part, env: Env)
    requires JobPaid(db, proc, j) && PcOf(j, part).JobRefundDue?
    ensures var (db', j') := JobPayStep(db, proc, j, part, env);
            JobPaid(db', proc, j') && Frame(db, db', proc)
  {
    var s := SidOf(proc, part);
    RefundEffect(db, proc, j, part, env);
    PutFrame(db, s, RefundTx(s, j.user, j.cost));
    OpeningKeepsJob(db, proc, j, part, JobRefunding, RefundPosting(proc, j));
    DroppingKeepsJob(db, proc, j, part, JobStranded);
    NothingToDrop(db, s);
  }

  lemma {:induction false} CommitIsPaid(db: Db, proc: nat, j: Job, part: Part)
    requires JobPaid(db, proc, j) && (PcOf(j, part).JobDebited? || PcOf(j, part).JobRefunding?)
    requires TxOk(db, SidOf(proc, part), db.open[SidOf(proc, part)])
    ensures var (db', j') := JobPayStep(db, proc, j, part, Succeed);
            JobPaid(db', proc, j') && Frame(db, db', proc)
  {
    CommitFrame(db, SidOf(proc, part));
    if PcOf(j, part).JobDebited? {
      ReserveCommits(db, proc, j);
    } else {
      RefundCommits(db, proc, j, part);
    }
  }

  lemma {:induction false} RollbackIsPaid(db: Db, proc: nat, j: Job, part: Part, env: Env)
    requires JobPaid(db, proc, j) && (PcOf(j, part).JobDebited? || PcOf(j, part).JobRefunding?) && env != Succeed
    ensures var (db', j') := JobPayStep(db, proc, j, part, env);
            JobPaid(db', proc, j') && Frame(db, db', proc)
  {
    RollbackFrame(db, SidOf(proc, part));
    DroppingKeepsJob(db, proc, j, part, if PcOf(j, part).JobDebited? then JobRejected else JobStranded);
  }

  lemma {:induction false} JobPayStepIsSafe(db: Db, opening: map<User, int>, proc: nat, j: Job, part: Part, env: Env)
    requires SafeDb(db, opening) && JobPaid(db, proc, j) && TouchesWallet(PcOf(j, part))
    ensures var (db', j') := JobPayStep(db, proc, j, part, env);
            SafeDb(db', opening) && JobPaid(db', proc, j') && Frame(db, db', proc)
  {
    if PcOf(j, part).JobStart? {
      ChargeIsSafe(db, opening, proc, j, part, env);
      ChargeIsPaid(db, proc, j, part, env);
    } else if PcOf(j, part).JobRefundDue? {
      RefundIsSafe(db, opening, proc, j, part, env);
      RefundIsPaid(db, proc, j, part, env);
    } else {
      CommitIsSafe(db, opening, proc, j, part, env);
      if env == Succeed {
        assert TxOk(db, SidOf(proc, part), db.open[SidOf(proc, part)]);
        CommitIsPaid(db, proc, j, part);
      } else {
        RollbackIsPaid(db, proc, j, part, env);
      }
    }
  }

  lemma {:induction false} JobStepIsSafe(db: Db, opening: map<User, int>, proc: nat, j: Job, e: JobEvent, maxAttempts: nat)
    requires maxAttempts > 0 && SafeDb(db, opening) && JobOk(db, proc, j, maxAttempts)
    ensures var (db', j') := JobStep(db, proc, j, e, maxAttempts);
            SafeDb(db', opening) && JobOk(db', proc, j', maxAttempts) && Frame(db, db', proc)
  {
    JobHistoryIsKept(db, proc, j, e, maxAttempts);
    if TouchesWallet(PcOf(j, e.part)) {
      JobPayStepIsSafe(db, opening, proc, j, e.part, e.env);
    } else {
      JobMoveIsPaid(db, proc, j, e.part, e.env, maxAttempts);
    }
  }

  // --- termination ------------------------------------------------------

  /** Steps a part can still take, the polls it may queue included. */
  function PartRank(pc: JobPc, maxAttempts: nat): int {
    match pc
    case JobStart => 3 * maxAttempts + 13
    case JobDebited => 3 * maxAttempts + 12
    case JobReserved => 3 * maxAttempts + 11
    case JobQueued => 3 * maxAttempts + 10
    case JobSubmitted => 3 * maxAttempts + 9
    case JobHandingOver => 5
    case JobPolling(attempt) => 3 * (maxAttempts - attempt) + 6
    case JobRescheduling(attempt) => 3 * (maxAttempts - attempt) + 7
    case JobStored(attempt) => 3 * (maxAttempts - attempt) + 5
    case JobFailing => 4
    case JobRefundDue => 3
    case JobRefunding => 2
    case _ => 0
  }

  function Rank(j: Job, maxAttempts: nat): int {
    PartRank(j.task, maxAttempts) + PartRank(j.poller, maxAttempts)
  }

  /** Whatever the providers, the broker and the user do, a part that has not ended and is
      not waiting for a wallet lock gets the job closer to its end; the poll chain is bounded
      by maxAttempts - attempt. */
  lemma {:induction false} EveryStepBringsTheEndCloser(db: Db, proc: nat, j: Job, e: JobEvent, maxAttempts: nat)
    requires maxAttempts > 0 && JobHistoryOk(j, maxAttempts) && !Ended(PcOf(j, e.part))
    ensures var (db', j') := JobStep(db, proc, j, e, maxAttempts);
            || 0 <= Rank(j', maxAttempts) < Rank(j, maxAttempts)
            || (j' == j && db' == db && !WalletFree(db.open, SidOf(proc, e.part), j.user))
  {
    RanksAreNatural(j, maxAttempts);
    JobHistoryIsKept(db, proc, j, e, maxAttempts);
    RanksAreNatural(JobStep(db, proc, j, e, maxAttempts).1, maxAttempts);
    if TouchesWallet(PcOf(j, e.part)) {
      PayingBringsTheEndCloser(db, proc, j, e.part, e.env, maxAttempts);
    } else if e.part == Task {
      TaskMovesOn(j, e.env, maxAttempts);
    } else {
      PollerMovesOn(j, e.env, maxAttempts);
    }
  }

  lemma {:induction false} RanksAreNatural(j: Job, maxAttempts: nat)
    requires JobHistoryOk(j, maxAttempts)
    ensures PartRank(j.task, maxAttempts) >= 0 && PartRank(j.poller, maxAttempts) >= 0
  {
  }

  lemma {:induction false} PayingBringsTheEndCloser(db: Db, proc: nat, j: Job, part: Part, env: Env, maxAttempts: nat)
    requires TouchesWallet(PcOf(j, part))
    ensures var (db', j') := JobPayStep(db, proc, j, part, env);
            || (MovedOn(j, j', part) && PartRank(PcOf(j', part), maxAttempts) < PartRank(PcOf(j, part), maxAttempts))
            || (j' == j && db' == db && !WalletFree(db.open, SidOf(proc, part), j.user))
  {
    PayingMovesOn(db, proc, j, part, env);
    var j' := JobPayStep(db, proc, j, part, env).1;
    if MovedOn(j, j', part) {
      MovingOnLowersTheRank(j, j', part, maxAttempts);
    }
  }

  lemma {:induction false} MovingOnLowersTheRank(j: Job, j': Job, part: Part, maxAttempts: nat)
    requires TouchesWallet(PcOf(j, part)) && MovedOn(j, j', part)
    ensures PartRank(PcOf(j', part), maxAttempts) < PartRank(PcOf(j, part), maxAttempts)
  {
  }

  lemma {:induction false} TaskMovesOn(j: Job, env: Env, maxAttempts: nat)
    requires maxAttempts > 0 && JobHistoryOk(j, maxAttempts) && !Ended(j.task) && !TouchesWallet(j.task)
    ensures 0 <= Rank(TaskMove(j, env), maxAttempts) < Rank(j, maxAttempts)
  {
    RanksAreNatural(j, maxAttempts);
  }

  lemma {:induction false} PollerMovesOn(j: Job, env: Env, maxAttempts: nat)
    requires maxAttempts > 0 && JobHistoryOk(j, maxAttempts) && !Ended(j.poller) && !TouchesWallet(j.poller)
    ensures 0 <= Rank(PollerMove(j, env, maxAttempts), maxAttempts) < Rank(j, maxAttempts)
  {
    RanksAreNatural(j, maxAttempts);
    PollerMoveLowersTheRank(j, env, maxAttempts);
  }

  lemma {:induction false} PollerMoveLowersTheRank(j: Job, env: Env, maxAttempts: nat)
    requires maxAttempts > 0 && Shaped(j) && PollsOk(j, maxAttempts) && !Ended(j.poller) && !TouchesWallet(j.poller)
    ensures var j' := PollerMove(j, env, maxAttempts);
            && j'.task == j.task && 0 <= PartRank(j'.poller, maxAttempts) < PartRank(j.poller, maxAttempts)
  {
    match j.poller
    case JobPolling(attempt) => PollLowersTheRank(j, attempt, env, maxAttempts);
    case JobStored(attempt) => ReschedulingLowersTheRank(j, attempt, maxAttempts);
    case _ =>
  }

  lemma {:induction false} ReschedulingLowersTheRank(j: Job, attempt: nat, maxAttempts: nat)
    requires attempt <= maxAttempts
    ensures var j' := Reschedule(j, attempt, maxAttempts);
            && j'.task == j.task && 0 <= PartRank(j'.poller, maxAttempts) < 3 * (maxAttempts - attempt) + 5
  {
  }

  lemma {:induction false} PollLowersTheRank(j: Job, attempt: nat, env: Env, maxAttempts: nat)
    requires attempt <= maxAttempts
    ensures var j' := Poll(j, attempt, env, maxAttempts);
            && j'.task == j.task && 0 <= PartRank(j'.poller, maxAttempts) < 3 * (maxAttempts - attempt) + 6
  {
    ReschedulingLowersTheRank(j.(polls := j.polls + 1), attempt, maxAttempts);
  }

  // --- deletion ---------------------------------------------------------

  /** An avatar job whose row the owner deleted before the video was there. */
  predicate Undeliverable(j: Job) {
    j.avatar && j.video.None? && !j.delivered && Charged(j)
  }

  lemma {:induction false} DeletionIsFinal(db: Db, proc: nat, j: Job, e: JobEvent, maxAttempts: nat)
    requires Shaped(j) && Undeliverable(j)
    ensures Undeliverable(JobStep(db, proc, j, e, maxAttempts).1) && Undeliverable(DeleteVideo(j))
  {
  }

  // --- faults -----------------------------------------------------------

  /** The environment assumptions of the design for one step: an enqueue that follows a
      charge succeeds, the refund is written, a task whose result is stored or whose poll is
      queued does not fail any more, and a worker is not killed before that. */
  predicate Healthy(j: Job, e: JobEvent) {
    var pc := PcOf(j, e.part);
    && (pc.JobReserved? || pc.JobRescheduling? || pc.JobRefundDue? || pc.JobRefunding? ==> e.env == Succeed)
    && (pc.JobHandingOver? || pc.JobStored? ==> e.env == Succeed || e.env == Killed)
    && (pc.JobQueued? || pc.JobSubmitted? || pc.JobPolling? || pc.JobFailing? ==> e.env != Killed)
  }

  ghost predicate NoFault(j: Job) {
    !j.lateFault && !HandoverFailed(j) && !j.task.JobStranded? && !j.poller.JobStranded?
  }

  lemma {:induction false} HealthyStepsLeaveNoFault(db: Db, proc: nat, j: Job, e: JobEvent, maxAttempts: nat)
    requires Shaped(j) && NoFault(j)
    ensures NoFault(JobStep(db, proc, j, e, maxAttempts).1) <==> Healthy(j, e)
  {
  }
}
